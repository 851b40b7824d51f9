/**
 * String operations shared by the JavaScript orchestrator and the Python
 * workers: prefix tests, splitting on one separator character (JavaScript's
 * `split` and Python's `str.split` agree when the separator is a single
 * character), joining, and decimal rendering of integers.
 */
module Strings {

  predicate StartsWith(s: string, prefix: string) {
    |prefix| <= |s| && s[..|prefix|] == prefix
  }

  predicate EndsWith(s: string, suffix: string) {
    |suffix| <= |s| && s[|s| - |suffix|..] == suffix
  }

  /** The pieces joined back with the separator between them. */
  function JoinWith(parts: seq<string>, sep: char): string
    requires |parts| >= 1
  {
    if |parts| == 1 then parts[0] else parts[0] + [sep] + JoinWith(parts[1..], sep)
  }

  /**
   * `s.split(sep)`: the maximal separator-free pieces of `s`, in order.
   * There is always one more piece than there are separators, so the empty
   * string splits into one empty piece.
   */
  function SplitOn(s: string, sep: char): (parts: seq<string>)
    ensures |parts| >= 1
    ensures forall i :: 0 <= i < |parts| ==> sep !in parts[i]
    ensures JoinWith(parts, sep) == s
    decreases |s|
  {
    if |s| == 0 then [""]
    else
      var rest := SplitOn(s[1..], sep);
      if s[0] == sep then
        assert ([""] + rest)[1..] == rest;
        [""] + rest
      else
        var parts := [[s[0]] + rest[0]] + rest[1..];
        assert parts[1..] == rest[1..];
        assert s == [s[0]] + s[1..];
        parts
  }

  /** Concatenation regroups freely. */
  lemma {:induction false} Regroup(a: string, b: string, c: string)
    ensures a + b + c == a + (b + c)
  {
  }

  /** A string without the separator is a single piece. */
  lemma {:induction false} SplitOnFree(s: string, sep: char)
    requires sep !in s
    ensures SplitOn(s, sep) == [s]
  {
    if |s| > 0 {
      assert sep !in s[1..];
      SplitOnFree(s[1..], sep);
    }
  }

  /** Splitting distributes over a separator: the pieces of each side, concatenated. */
  lemma {:induction false} SplitOnAppend(a: string, b: string, sep: char)
    ensures SplitOn(a + [sep] + b, sep) == SplitOn(a, sep) + SplitOn(b, sep)
    decreases |a|
  {
    var s := a + [sep] + b;
    if |a| == 0 {
      assert s == [sep] + b;
      assert s[1..] == b;
    } else {
      assert s[1..] == a[1..] + [sep] + b;
      SplitOnAppend(a[1..], b, sep);
    }
  }

  /** Joining separator-free pieces and splitting again gives the pieces back. */
  lemma {:induction false} SplitOfJoin(parts: seq<string>, sep: char)
    requires |parts| >= 1
    requires forall i :: 0 <= i < |parts| ==> sep !in parts[i]
    ensures SplitOn(JoinWith(parts, sep), sep) == parts
    decreases |parts|
  {
    if |parts| == 1 {
      SplitOnFree(parts[0], sep);
    } else {
      SplitOfJoin(parts[1..], sep);
      SplitOnAppend(parts[0], JoinWith(parts[1..], sep), sep);
      SplitOnFree(parts[0], sep);
      assert parts == [parts[0]] + parts[1..];
    }
  }

  /**
   * The first piece of a split is the longest separator-free prefix: it is a
   * prefix, holds no separator, and is either everything or followed by one.
   */
  lemma {:induction false} FirstPiece(s: string, sep: char)
    ensures var p := SplitOn(s, sep)[0];
      StartsWith(s, p) && sep !in p && (|p| == |s| || s[|p|] == sep)
    decreases |s|
  {
    if |s| > 0 && s[0] != sep {
      FirstPiece(s[1..], sep);
    }
  }

  /**
   * A character other than the separator, appended, lengthens the first
   * piece only when the text held no separator.
   */
  lemma {:induction false} FirstPieceAppend(x: string, c: char, sep: char)
    requires c != sep
    ensures SplitOn(x + [c], sep)[0] == if sep in x then SplitOn(x, sep)[0] else x + [c]
    decreases |x|
  {
    var s := x + [c];
    if |x| == 0 {
      assert s == [c] && s[1..] == [];
    } else {
      assert s[0] == x[0];
      assert s[1..] == x[1..] + [c];
      if x[0] != sep {
        FirstPieceAppend(x[1..], c, sep);
        assert x == [x[0]] + x[1..];
        assert (sep in x) == (sep in x[1..]);
      }
    }
  }

  /** Appending a character that does not end the prefix does not change whether the text starts with it. */
  lemma {:induction false} StartsWithAppend(t: string, c: char, prefix: string)
    requires prefix != [] && prefix[|prefix| - 1] != c
    ensures StartsWith(t + [c], prefix) <==> StartsWith(t, prefix)
  {
    if |prefix| <= |t| {
      assert (t + [c])[..|prefix|] == t[..|prefix|];
    } else if |prefix| == |t| + 1 {
      assert (t + [c])[..|prefix|][|t|] == c;
    }
  }

  /** After a separator-free head and one separator, the second piece is the first piece of the rest. */
  lemma {:induction false} SecondPiece(head: string, rest: string, sep: char)
    requires sep !in head
    ensures |SplitOn(head + [sep] + rest, sep)| >= 2
    ensures SplitOn(head + [sep] + rest, sep)[1] == SplitOn(rest, sep)[0]
  {
    SplitOnAppend(head, rest, sep);
    SplitOnFree(head, sep);
  }

  /** `s.rfind(c)` and `s.lastIndexOf(c)`: the index of the last occurrence of `c`, or -1. */
  function LastIndexOf(s: string, c: char): (i: int)
    ensures -1 <= i < |s|
    ensures i >= 0 ==> s[i] == c && c !in s[i + 1..]
    ensures i == -1 ==> c !in s
  {
    if |s| == 0 then -1
    else if s[|s| - 1] == c then |s| - 1
    else
      var init, last := s[..|s| - 1], s[|s| - 1];
      var i := LastIndexOf(init, c);
      assert s == init + [last];
      assert i >= 0 ==> c !in s[i + 1..] by {
        if i >= 0 {
          assert s[i + 1..] == init[i + 1..] + [last];
        }
      }
      i
  }

  /** The last piece of a split is the longest separator-free suffix: what follows the last separator. */
  lemma {:induction false} LastPiece(s: string, sep: char)
    ensures var parts := SplitOn(s, sep); var p := parts[|parts| - 1];
      EndsWith(s, p) && sep !in p && (|p| == |s| || s[|s| - |p| - 1] == sep)
  {
    var k := LastIndexOf(s, sep);
    if k < 0 {
      SplitOnFree(s, sep);
    } else {
      var head, rest := s[..k], s[k + 1..];
      assert s == head + [sep] + rest;
      SplitOnAppend(head, rest, sep);
      SplitOnFree(rest, sep);
    }
  }

  /** A separator that occurs in neither head splits a text in one way only. */
  lemma {:induction false} SeparatorSplitsUniquely(a: string, x: string, b: string, y: string, sep: char)
    requires sep !in a && sep !in b
    requires a + [sep] + x == b + [sep] + y
    ensures a == b && x == y
  {
    var s := a + [sep] + x;
    assert |a| == |b| by {
      assert s[|a|] == sep && (b + [sep] + y)[|b|] == sep;
    }
    assert a == s[..|a|] == b;
    assert x == s[|a| + 1..] == y;
  }

  /** A string holding the separator splits into at least two pieces. */
  lemma {:induction false} SplitOnHasSecond(s: string, sep: char)
    requires sep in s
    ensures |SplitOn(s, sep)| >= 2
  {
  }

  predicate IsDigit(c: char) {
    '0' <= c <= '9'
  }

  predicate AllDigits(s: string) {
    forall i :: 0 <= i < |s| ==> IsDigit(s[i])
  }

  function DigitChar(d: nat): (c: char)
    requires d < 10
    ensures IsDigit(c) && (c as int) - ('0' as int) == d
  {
    (('0' as int) + d) as char
  }

  /** Decimal rendering of a natural number, as Python's `str` and JavaScript's `toString` give it. */
  function NatToDecimal(n: nat): (s: string)
    ensures |s| >= 1 && AllDigits(s)
    ensures s[0] == '0' ==> n == 0
  {
    if n < 10 then [DigitChar(n)] else NatToDecimal(n / 10) + [DigitChar(n % 10)]
  }

  function IntToDecimal(n: int): (s: string)
    ensures |s| >= 1 && (s[0] == '-' || IsDigit(s[0]))
  {
    if n < 0 then "-" + NatToDecimal(-n) else NatToDecimal(n)
  }

  /** The value of a non-empty run of decimal digits, most significant first. */
  function DecimalValue(s: string): nat
    requires AllDigits(s)
  {
    if |s| == 0 then 0
    else DecimalValue(s[..|s| - 1]) * 10 + ((s[|s| - 1] as int) - ('0' as int))
  }

  lemma {:induction false} DecimalRoundTrip(n: nat)
    ensures DecimalValue(NatToDecimal(n)) == n
  {
    if n >= 10 {
      DecimalRoundTrip(n / 10);
      var s := NatToDecimal(n);
      assert s[..|s| - 1] == NatToDecimal(n / 10);
    }
  }

  /** Different numbers never render alike. */
  lemma {:induction false} NatToDecimalInjective(i: nat, j: nat)
    requires NatToDecimal(i) == NatToDecimal(j)
    ensures i == j
  {
    DecimalRoundTrip(i);
    DecimalRoundTrip(j);
  }
}
